/** The per-step validation rules of the registration wizard and the dispatch
    from step index to rule set (makeRegistrationValidation.ts). */
module RegisterValidation {
  import opened Wrappers
  import opened JsString
  import opened Zod

  const PayrollSchema: Schema := [
    Field("pay_frequency", Str([MinLength(1, "Pay frequency is required")])),
    Field("pay_period", Str([MinLength(1, "Pay period is required")])),
    Field("payroll_start_date", Str([MinLength(1, "Start date is required")])),
    Field("check_number", Str([MinLength(1, "Check number is required")]))
  ]

  const CompanyInfoSchema: Schema := [
    Field("entity_name", Str([MinLength(1, "Entity Name is required")])),
    Field("entity_type", Str([MinLength(1, "Entity Type is required")])),
    Field("fein", OptDigits("FEIN must be a number")),
    Field("address_line_1", OptStr),
    Field("address_line_2", OptStr),
    Field("city", Str([MinLength(1, "City is required")])),
    Field("state", Str([MinLength(1, "State is required")])),
    Field("zip_code", OptStr),
    Field("phone_number", OptStr),
    Field("nys_unemployment_registration_number", OptDigits("NYS must be a number"))
  ]

  /** The password-confirmation field and its equality refinement are
      commented out in makeRegistrationValidation.ts, so neither appears here. */
  const UserDetailsSchema: Schema := [
    Field("first_name", Str([MinLength(1, "First name is required")])),
    Field("last_name", Str([MinLength(1, "Last name is required")])),
    Field("email", Str([Email("Invalid email address")])),
    Field("role", Str([MinLength(1, "Role is required")])),
    Field("password", Str([MinLength(6, "Password must be at least 6 characters")]))
  ]

  const InvalidStepMessage: string := "Invalid step"

  /** `makeRegisterValidation(activeStep)`: the rule set of a step, or the
      thrown "Invalid step" error for any other number. */
  function MakeRegisterValidation(activeStep: int): (r: Result<Schema, string>)
    ensures r.Success? <==> 0 <= activeStep <= 2
    ensures r.Failure? ==> r.error == InvalidStepMessage
  {
    if activeStep == 0 then Success(CompanyInfoSchema)
    else if activeStep == 1 then Success(UserDetailsSchema)
    else if activeStep == 2 then Success(PayrollSchema)
    else Failure(InvalidStepMessage)
  }

  // ---- Reference definitions, stated field by field ----

  /** Present and not the empty string. */
  predicate NonEmpty(values: FormValues, name: string) {
    Get(values, name).Some? && Get(values, name).value != []
  }

  /** Absent, empty, or a non-empty run of decimal digits. */
  predicate AbsentEmptyOrDigits(values: FormValues, name: string) {
    Get(values, name) == None || Get(values, name).value == [] || AllDigits(Get(values, name).value)
  }

  predicate CompanyValid(values: FormValues) {
    && NonEmpty(values, "entity_name")
    && NonEmpty(values, "entity_type")
    && AbsentEmptyOrDigits(values, "fein")
    && NonEmpty(values, "city")
    && NonEmpty(values, "state")
    && AbsentEmptyOrDigits(values, "nys_unemployment_registration_number")
  }

  predicate UserValid(values: FormValues, emailOk: string -> bool) {
    && NonEmpty(values, "first_name")
    && NonEmpty(values, "last_name")
    && "email" in values && emailOk(values["email"])
    && NonEmpty(values, "role")
    && "password" in values && JsLength(values["password"]) >= 6
  }

  predicate PayrollValid(values: FormValues) {
    && NonEmpty(values, "pay_frequency")
    && NonEmpty(values, "pay_period")
    && NonEmpty(values, "payroll_start_date")
    && NonEmpty(values, "check_number")
  }

  /** What each step demands of the form values. */
  predicate StepValid(step: int, values: FormValues, emailOk: string -> bool)
    requires 0 <= step <= 2
  {
    if step == 0 then CompanyValid(values)
    else if step == 1 then UserValid(values, emailOk)
    else PayrollValid(values)
  }

  // ---- The schemas agree with the reference definitions ----

  /** A `.min(1)` field accepts its value iff the field is non-empty. */
  lemma RequiredField(values: FormValues, name: string, message: string, emailOk: string -> bool)
    ensures Accepts(Str([MinLength(1, message)]), Get(values, name), emailOk) <==> NonEmpty(values, name)
  {
    RequiredNonEmpty(message, Get(values, name), emailOk);
  }

  lemma CompanySchemaSpec(values: FormValues, emailOk: string -> bool)
    ensures Valid(CompanyInfoSchema, values, emailOk) <==> CompanyValid(values)
  {
    var s := CompanyInfoSchema;
    RequiredField(values, "entity_name", "Entity Name is required", emailOk);
    RequiredField(values, "entity_type", "Entity Type is required", emailOk);
    RequiredField(values, "city", "City is required", emailOk);
    RequiredField(values, "state", "State is required", emailOk);
    if CompanyValid(values) {
      forall i | 0 <= i < |s| ensures Accepts(s[i].rule, Get(values, s[i].name), emailOk) {
      }
    } else if !NonEmpty(values, "entity_name") {
      assert !Accepts(s[0].rule, Get(values, s[0].name), emailOk);
    } else if !NonEmpty(values, "entity_type") {
      assert !Accepts(s[1].rule, Get(values, s[1].name), emailOk);
    } else if !AbsentEmptyOrDigits(values, "fein") {
      assert !Accepts(s[2].rule, Get(values, s[2].name), emailOk);
    } else if !NonEmpty(values, "city") {
      assert !Accepts(s[5].rule, Get(values, s[5].name), emailOk);
    } else if !NonEmpty(values, "state") {
      assert !Accepts(s[6].rule, Get(values, s[6].name), emailOk);
    } else {
      assert !Accepts(s[9].rule, Get(values, s[9].name), emailOk);
    }
  }

  lemma UserSchemaSpec(values: FormValues, emailOk: string -> bool)
    ensures Valid(UserDetailsSchema, values, emailOk) <==> UserValid(values, emailOk)
  {
    var s := UserDetailsSchema;
    RequiredField(values, "first_name", "First name is required", emailOk);
    RequiredField(values, "last_name", "Last name is required", emailOk);
    RequiredField(values, "role", "Role is required", emailOk);
    if UserValid(values, emailOk) {
      forall i | 0 <= i < |s| ensures Accepts(s[i].rule, Get(values, s[i].name), emailOk) {
      }
    } else if !NonEmpty(values, "first_name") {
      assert !Accepts(s[0].rule, Get(values, s[0].name), emailOk);
    } else if !NonEmpty(values, "last_name") {
      assert !Accepts(s[1].rule, Get(values, s[1].name), emailOk);
    } else if !("email" in values && emailOk(values["email"])) {
      assert "email" !in values || !CheckPasses(s[2].rule.checks[0], values["email"], emailOk);
      assert !Accepts(s[2].rule, Get(values, s[2].name), emailOk);
    } else if !NonEmpty(values, "role") {
      assert !Accepts(s[3].rule, Get(values, s[3].name), emailOk);
    } else {
      assert "password" !in values || !CheckPasses(s[4].rule.checks[0], values["password"], emailOk);
      assert !Accepts(s[4].rule, Get(values, s[4].name), emailOk);
    }
  }

  lemma PayrollSchemaSpec(values: FormValues, emailOk: string -> bool)
    ensures Valid(PayrollSchema, values, emailOk) <==> PayrollValid(values)
  {
    var s := PayrollSchema;
    RequiredField(values, "pay_frequency", "Pay frequency is required", emailOk);
    RequiredField(values, "pay_period", "Pay period is required", emailOk);
    RequiredField(values, "payroll_start_date", "Start date is required", emailOk);
    RequiredField(values, "check_number", "Check number is required", emailOk);
    if PayrollValid(values) {
      forall i | 0 <= i < |s| ensures Accepts(s[i].rule, Get(values, s[i].name), emailOk) {
      }
    } else if !NonEmpty(values, "pay_frequency") {
      assert !Accepts(s[0].rule, Get(values, s[0].name), emailOk);
    } else if !NonEmpty(values, "pay_period") {
      assert !Accepts(s[1].rule, Get(values, s[1].name), emailOk);
    } else if !NonEmpty(values, "payroll_start_date") {
      assert !Accepts(s[2].rule, Get(values, s[2].name), emailOk);
    } else {
      assert !Accepts(s[3].rule, Get(values, s[3].name), emailOk);
    }
  }

  /** Steps 0, 1 and 2 select rule sets that accept exactly what the reference
      definitions accept; every other number fails with "Invalid step". */
  lemma MakeRegisterValidationSpec(activeStep: int, values: FormValues, emailOk: string -> bool)
    ensures match MakeRegisterValidation(activeStep)
      case Failure(e) => (activeStep < 0 || activeStep > 2) && e == InvalidStepMessage
      case Success(schema) =>
        0 <= activeStep <= 2 && (Valid(schema, values, emailOk) <==> StepValid(activeStep, values, emailOk))
  {
    if activeStep == 0 {
      CompanySchemaSpec(values, emailOk);
    } else if activeStep == 1 {
      UserSchemaSpec(values, emailOk);
    } else if activeStep == 2 {
      PayrollSchemaSpec(values, emailOk);
    }
  }

  // ---- Individual field rules ----

  /** `fein` alone: accepted iff absent, empty or all decimal digits. The other
      company fields are held valid so the field is seen in isolation. */
  lemma FeinRule(values: FormValues, emailOk: string -> bool)
    requires NonEmpty(values, "entity_name") && NonEmpty(values, "entity_type")
    requires NonEmpty(values, "city") && NonEmpty(values, "state")
    requires AbsentEmptyOrDigits(values, "nys_unemployment_registration_number")
    ensures Valid(CompanyInfoSchema, values, emailOk)
        <==> ("fein" !in values || values["fein"] == [] || AllDigits(values["fein"]))
  {
    CompanySchemaSpec(values, emailOk);
  }

  /** `nys_unemployment_registration_number` alone follows the same rule. */
  lemma NysRegistrationNumberRule(values: FormValues, emailOk: string -> bool)
    requires NonEmpty(values, "entity_name") && NonEmpty(values, "entity_type")
    requires NonEmpty(values, "city") && NonEmpty(values, "state")
    requires AbsentEmptyOrDigits(values, "fein")
    ensures Valid(CompanyInfoSchema, values, emailOk)
        <==> ("nys_unemployment_registration_number" !in values
              || values["nys_unemployment_registration_number"] == []
              || AllDigits(values["nys_unemployment_registration_number"]))
  {
    CompanySchemaSpec(values, emailOk);
  }

  /** The address lines, zip code and phone number are free: any value, or
      none, leaves company validity unchanged. */
  lemma CompanyOptionalFieldsFree(values: FormValues, emailOk: string -> bool, name: string, v: Option<string>)
    requires name in {"address_line_1", "address_line_2", "zip_code", "phone_number"}
    ensures Valid(CompanyInfoSchema, Put(values, name, v), emailOk) == Valid(CompanyInfoSchema, values, emailOk)
  {
    var w := Put(values, name, v);
    OptionalFieldsOutsideCompanyRules(values, name, v);
    CompanySchemaSpec(values, emailOk);
    CompanySchemaSpec(w, emailOk);
  }

  lemma OptionalFieldsOutsideCompanyRules(values: FormValues, name: string, v: Option<string>)
    requires name in {"address_line_1", "address_line_2", "zip_code", "phone_number"}
    ensures CompanyValid(Put(values, name, v)) == CompanyValid(values)
  {
    var w := Put(values, name, v);
    assert name != "entity_name" && name != "entity_type" && name != "fein";
    assert name != "city" && name != "state" && name != "nys_unemployment_registration_number";
    assert Get(w, "entity_name") == Get(values, "entity_name");
    assert Get(w, "entity_type") == Get(values, "entity_type");
    assert Get(w, "fein") == Get(values, "fein");
    assert Get(w, "city") == Get(values, "city");
    assert Get(w, "state") == Get(values, "state");
    assert Get(w, "nys_unemployment_registration_number") == Get(values, "nys_unemployment_registration_number");
  }

  /** Password confirmation is not enforced: a `confirmPassword` value, or its
      absence, never changes the user step's issues. */
  lemma ConfirmPasswordIgnored(values: FormValues, emailOk: string -> bool, v: Option<string>)
    ensures Issues(UserDetailsSchema, Put(values, "confirmPassword", v), emailOk)
         == Issues(UserDetailsSchema, values, emailOk)
  {
    IssuesIgnoreUndeclared(UserDetailsSchema, values, emailOk, "confirmPassword", v);
  }

  /** Payroll fields are checked for presence only: any non-empty strings pass,
      whether or not they read as a date or a number. */
  lemma PayrollPresenceOnly(values: FormValues, emailOk: string -> bool)
    requires forall n :: n in values ==> values[n] != []
    ensures Valid(PayrollSchema, values, emailOk)
        <==> {"pay_frequency", "pay_period", "payroll_start_date", "check_number"} <= values.Keys
  {
    PayrollSchemaSpec(values, emailOk);
  }
}
