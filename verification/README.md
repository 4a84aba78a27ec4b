# Registration wizard: a Dafny model

This project models the decision logic of a browser-based, multi-step
registration wizard for a payroll product. The wizard collects company
information, user details and payroll details, one step at a time. Each step
is checked by its own validation rule set. The user step also runs an
identity-verification sub-flow against a hosted identity provider: first the
account is created, then an e-mailed code is confirmed. A separate,
standalone sign-up view has its own rule set.

The model is functional. Form values are an immutable map from field name to
string; a missing key is an `undefined` field. The page state is a step
number plus three optional sub-records. Every handler is a pure function.
The identity provider's answers are parameters, and so are the e-mail format
test and the error-message mapping.

Modules, one per component of the program:

- `Zod` (`zod.dfy`): the fragment of the zod library the rule sets use, as a
  small interpreter that yields zod's issue list. `JsString` (`js_string.dfy`)
  holds the JavaScript string semantics it needs: `.length` counted in UTF-16
  code units, truthiness, and the `/^\d+$/` test.
- `RegisterValidation`: the three step rule sets and `makeRegisterValidation`.
  Each rule set is proved equal to a field-by-field reference predicate.
- `RegisterPage`: the step controller, with `goToNextStep`,
  `goToPreviousStep` and `handleStepSubmit`, and its reachable-state
  invariant.
- `RegistrationForm`: the schema in force, the Back/Next gates, the
  verification flags, and the validated submission that forwards all values.
- `FormContent` and `Identity`: per-step rendering, the two identity
  handlers, and the requests they send.
- `AmplifySignUp`: the standalone sign-up view.
- `Wizard`: all of the above composed into one state machine driven by user
  events.

What the code does, and therefore what the model does:

- The wizard has three steps: there is no Summary step and no terms
  checkbox. The payroll start date has no weekday or lead-time rule. There
  are no length caps and no FEIN, phone or zip format masks.
- `role` is required by the user rule set
  (makeRegistrationValidation.ts:33), and the user step renders no role
  field.
- Advancing past the user step only once both verifications are done is
  enforced only by disabling the Next button (RegistrationForm.tsx:53). The
  page controller in RegisterPage.tsx has no such guard.

Two consequences of the code, as written, are proved:

- The user rule set requires `first_name`, `last_name` and `role`. The user
  step renders `firstName`, `lastName` and no role field
  (`FormContent.UserStepFieldMismatch`). So no run of edits and validated
  submissions ever reaches the payroll step (`Wizard.NeverReachesPayroll`).
- In every reachable page state, the payroll guard already holds. The silent
  drop of a payroll submission can never happen
  (`RegisterPage.PayrollSubmitNeverDropped`).

## Model

| member | source | states |
|---|---|---|
| `JsString.JsLength` | src/auth/view/my-auth/register/makeRegistrationValidation.ts:34 | the length that `.min` compares is zero exactly for the empty string; `JsLengthBounds` puts it between the character count and twice that count |
| `JsString.DigitsRegexCorrect` | src/auth/view/my-auth/register/makeRegistrationValidation.ts:16 | the `^\d+$` matcher accepts exactly the non-empty strings of ASCII digits |
| `Zod.CheckMessages` | src/auth/view/amplify/amplify-sign-up-view.tsx:35-42 | chained string checks report exactly the messages of the failing checks, in declaration order: one check reports its message iff it fails, none when every check passes |
| `Zod.CheckMessagesAppend` | src/auth/view/amplify/amplify-sign-up-view.tsx:39-42 | the messages of a chain `a` followed by `b` are the messages of `a` followed by those of `b` |
| `Zod.RuleMessages` | src/auth/view/my-auth/register/makeRegistrationValidation.ts:13-16 | a field reports no message exactly when its rule accepts the value; an absent required string reports only "Required"; a failing refinement reports only its own message |
| `Zod.Issues` | src/auth/view/my-auth/register/makeRegistrationValidation.ts:3-8 | every issue is on a declared field, and there are no issues exactly when every declared field accepts its value |
| `Zod.MessagesOfField` | src/auth/view/amplify/amplify-sign-up-view.tsx:31-43 | with distinct field names, the issues about one field are exactly that field's own rule messages, in order |
| `Zod.IssuesIgnoreUndeclared` | src/auth/view/my-auth/register/makeRegistrationValidation.ts:29-36 | setting or removing a field the schema does not declare changes no issue |
| `RegisterValidation.MakeRegisterValidation` | src/auth/view/my-auth/register/makeRegistrationValidation.ts:42-52 | a rule set is returned exactly for steps 0..2; any other number fails with "Invalid step" |
| `RegisterValidation.MakeRegisterValidationSpec` | src/auth/view/my-auth/register/makeRegistrationValidation.ts:42-52 | steps 0, 1 and 2 select rule sets that accept exactly the company, user and payroll reference predicates; any other integer throws "Invalid step" |
| `RegisterValidation.CompanySchemaSpec` | src/auth/view/my-auth/register/makeRegistrationValidation.ts:10-27 | company values pass iff entity name, entity type, city and state are non-empty, and FEIN and the NYS number are each absent, empty or all digits |
| `RegisterValidation.UserSchemaSpec` | src/auth/view/my-auth/register/makeRegistrationValidation.ts:29-40 | user values pass iff first name, last name and role are non-empty, the e-mail is present and well formed, and the password has at least 6 UTF-16 units |
| `RegisterValidation.PayrollSchemaSpec` | src/auth/view/my-auth/register/makeRegistrationValidation.ts:3-8 | payroll values pass iff all four payroll fields are non-empty |
| `RegisterValidation.FeinRule` | src/auth/view/my-auth/register/makeRegistrationValidation.ts:13-16 | with the other company fields valid, the values pass iff `fein` is absent, empty or all decimal digits |
| `RegisterValidation.NysRegistrationNumberRule` | src/auth/view/my-auth/register/makeRegistrationValidation.ts:23-26 | the same absent/empty/all-digits rule for the NYS unemployment registration number |
| `RegisterValidation.CompanyOptionalFieldsFree` | src/auth/view/my-auth/register/makeRegistrationValidation.ts:17-22 | any value, or none, for the address lines, zip code or phone number leaves company validity unchanged |
| `RegisterValidation.ConfirmPasswordIgnored` | src/auth/view/my-auth/register/makeRegistrationValidation.ts:35-40 | the user rule set's issues do not depend on a `confirmPassword` value, so confirmation is not enforced |
| `RegisterValidation.PayrollPresenceOnly` | src/auth/view/my-auth/register/makeRegistrationValidation.ts:3-8 | when no value is empty, payroll values pass iff all four keys are present; there is no date or number check |
| `RegisterPage.GoToNextStep` | src/auth/view/my-auth/register/RegisterPage.tsx:25-26 | Next advances by one below Payroll, stays on Payroll, and keeps a step inside the range |
| `RegisterPage.GoToPreviousStep` | src/auth/view/my-auth/register/RegisterPage.tsx:28-29 | Back is a no-op on CompanyInfo, goes back exactly one step from any later step, and keeps a step inside the range |
| `RegisterPage.NextBackInverse` | src/auth/view/my-auth/register/RegisterPage.tsx:25-29 | Back undoes Next below Payroll, Next undoes Back above CompanyInfo, and both are no-ops at their ends |
| `RegisterPage.HandleStepSubmit` | src/auth/view/my-auth/register/RegisterPage.tsx:31-57 | an accepted submission stores the data as that step's sub-record, keeps the other two and advances with the clamp; a payroll submission without both earlier records changes nothing and raises nothing; any other step shows "Invalid step." and changes nothing |
| `RegisterPage.RunPreservesInv` | src/auth/view/my-auth/register/RegisterPage.tsx:31-57 | every sequence of Back and submit events keeps the step in range; every step past the first has the earlier records; a payroll record never exists without the other two |
| `RegisterPage.Reachable` | src/auth/view/my-auth/register/RegisterPage.tsx:20-29 | from the initial state (CompanyInfo, empty record), every reachable state satisfies that invariant, so the step stays in [CompanyInfo, Payroll] |
| `RegisterPage.PayrollSubmitNeverDropped` | src/auth/view/my-auth/register/RegisterPage.tsx:44-50 | in every reachable state on Payroll, a submission sets the payroll record and the step stays Payroll |
| `RegisterPage.ResubmitReplaces` | src/auth/view/my-auth/register/RegisterPage.tsx:34-47 | submitting a step, going back and submitting it again replaces that step's record and keeps the others |
| `Wizard.ButtonGates` | src/auth/view/my-auth/register/RegistrationForm.tsx:44-56 | on a step in range, Back leaves the state unchanged iff the step is CompanyInfo; on the user step Next does nothing while a verification is missing; on the other steps, or once both are done, Next with passing values acts as the page's step submission |
| `RegistrationForm.SubmitForm` | src/auth/view/my-auth/register/RegistrationForm.tsx:21-38 | with the schema of `makeRegisterValidation(activeStep)`, the values are forwarded iff the step is valid and the values satisfy its reference predicate; what is forwarded is the complete value map; an invalid step crashes with "Invalid step" |
| `Identity.SignUpRequestOf` | src/auth/view/my-auth/register/RegistrationFormContent.tsx:44-50 | the sign-up request uses the e-mail as the username, and an absent or empty middle name is sent as '' |
| `Identity.ConfirmMatchesSignUp` | src/auth/view/my-auth/register/RegistrationFormContent.tsx:44-65 | the confirmation names the same account as the sign-up built from the same values, and editing any field other than the e-mail or the code leaves it unchanged |
| `FormContent.Render` | src/auth/view/my-auth/register/RegistrationFormContent.tsx:74-205 | nothing renders iff the step is outside the three values; on the user step Confirm shows iff the account is unverified, and the code field and Verify show iff the account is verified and the code is not; Verify is enabled iff the code is non-empty; other steps show no verification control |
| `FormContent.VerificationControls` | src/auth/view/my-auth/register/RegistrationFormContent.tsx:157-189 | Confirm and Verify never show together, and once both flags are true no verification control or code field shows |
| `FormContent.HandleClick` | src/auth/view/my-auth/register/RegistrationFormContent.tsx:39-58 | the account flag ends true iff it was already true or the provider accepted the sign-up request; the code flag is untouched; `isSubmitting` ends false; flags never drop |
| `FormContent.HandleOtpVerification` | src/auth/view/my-auth/register/RegistrationFormContent.tsx:60-72 | the code flag ends true iff it was already true or the provider accepted the confirmation; the account flag is untouched; `isSubmitting` ends false |
| `FormContent.UserStepFieldMismatch` | src/auth/view/my-auth/register/RegistrationFormContent.tsx:94-117 | the user step renders `firstName` and `lastName` but none of `first_name`, `last_name`, `role` |
| `AmplifySignUp.SignUpSchemaSpec` | src/auth/view/amplify/amplify-sign-up-view.tsx:31-43 | sign-up values pass iff first and last name are non-empty, the e-mail is non-empty and well formed, and the password has at least 6 UTF-16 units; the middle name is free |
| `AmplifySignUp.PasswordMessages` | src/auth/view/amplify/amplify-sign-up-view.tsx:39-42 | an empty password reports "required" first and then the length message; 1 to 5 units report only "at least 6"; 6 or more report nothing |
| `AmplifySignUp.DefaultValuesInvalid` | src/auth/view/amplify/amplify-sign-up-view.tsx:58-63 | the empty default values do not pass the sign-up rule set |
| `AmplifySignUp.OnSubmit` | src/auth/view/amplify/amplify-sign-up-view.tsx:80-98 | nothing is sent iff validation fails; the request maps the e-mail to the username; the verified flag ends true iff it was true or the provider accepted; a rejection stores the mapped error message and leaves the flag; a success leaves the old message |
| `AmplifySignUp.VerifiedOnlyAfterSignUp` | src/auth/view/amplify/amplify-sign-up-view.tsx:89-97 | from the first render, the flag is raised only after a valid request that the provider accepted; otherwise a sent request leaves a non-null error message |
| `Wizard.StepKeepsInv` | src/auth/view/my-auth/register/RegistrationForm.tsx:32-53 | every user event (edit, Back, Next, Confirm, Verify) keeps the page invariant |
| `Wizard.RunRaisesFlags` | src/auth/view/my-auth/register/RegistrationFormContent.tsx:52-66 | along any run of user events from any state, a verification flag that is true stays true |
| `Wizard.Reachable` | src/auth/view/my-auth/register/RegisterPage.tsx:20-29 | from the first render, every run keeps the step in [CompanyInfo, Payroll] and no payroll record exists without the other two |
| `Wizard.AdvanceNeedsVerification` | src/auth/view/my-auth/register/RegistrationForm.tsx:51-53 | a move from UserInfo to Payroll happens only through Next, with both flags true and values that satisfy the user reference predicate |
| `Wizard.NeverReachesPayroll` | src/auth/view/my-auth/register/makeRegistrationValidation.ts:29-33 | since only rendered fields can be typed into and none of them is `first_name`, no run reaches Payroll through a validated submission |

## Left out

- Rendering, layout, the Stepper markup, the password show/hide toggle, the
  verify view and the terms component: presentation only.
- `signUp`, `confirmSignUp` and `getErrorMessage`: foreign calls. Each is a
  function parameter of the handler that uses it, returning success or
  failure for the request actually sent.
- Zod's e-mail format regular expression: an uninterpreted parameter,
  `emailOk`. Whether the empty string counts as an e-mail is left to it.
- `createRedirectPath`, `router.push`, toast display and `console.error`:
  side effects. The "Invalid step." toast is kept only as a returned value.
- Route and page composition (`src/routes/sections/index.tsx`, the sign-up
  and sign-in pages): no logic.
- The `StepIndex` enumeration lives in a types file that is not part of this
  model. Its values are taken as 0, 1 and 2.
- Event ordering and concurrency are left out:
  - the `isSubmitting` race;
  - the `formData` captured by the `useCallback` closure, which can be stale;
  - the Next button's `onClick={onValid}`, which forwards the values without
    validation in addition to the form's submit;
  - the Confirm and Verify buttons, which are also submit buttons.
  The wizard model takes Next as the validated submit only, so
  `Wizard.NeverReachesPayroll` is about that path.
- Field values that are not strings (a date picker's value, numbers): every
  value is a string.
- Zod's parsed output, with unknown keys stripped, is not modelled. The form
  ignores it and forwards `getValues()`.
- react-hook-form's re-validation on change and how a swapped resolver is
  picked up: the schema in force is taken to be the current step's.
- Zod issue codes and paths other than the field name and message.
