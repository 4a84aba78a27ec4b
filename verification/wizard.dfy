/** The whole registration wizard as one state machine: the page's step and
    records, the form's verification flags, and the form's values, driven by
    the user's edits and button presses. The form host stays mounted across
    steps, so its flags and its values persist from step to step. */
module Wizard {
  import opened Wrappers
  import opened Zod
  import opened Identity
  import opened RegisterValidation
  import opened RegisterPage
  import opened RegistrationForm
  import opened FormContent

  datatype State = State(page: Page, flags: Flags, values: FormValues)

  const Start: State := State(Initial, InitialFlags, map[])

  /** A user action. The provider's answers arrive with the button presses
      that send a request. */
  datatype Event =
    | Edit(name: string, value: Option<string>)  // type into, or clear, a field
    | ClickBack
    | ClickNext                                 // submit the form through Next
    | ClickConfirm(answer: ProviderAnswer)             // create the account
    | ClickVerify(answer: ProviderAnswer)              // confirm the e-mailed code

  function Shown(s: State): Option<View> {
    Render(s.page.step, s.flags, Get(s.values, "code"))
  }

  /** One transition. Edits reach only rendered fields; a disabled or hidden
      button does nothing. */
  function Step(s: State, e: Event, emailOk: string -> bool): State {
    match e
    case Edit(name, v) =>
      if name in RenderedFields(s.page.step, s.flags, Get(s.values, "code"))
      then s.(values := Put(s.values, name, v)) else s
    case ClickBack =>
      if BackDisabled(s.page.step) then s else s.(page := Apply(s.page, Back))
    case ClickNext =>
      if NextDisabled(s.page.step, s.flags) then s
      else (match SubmitForm(s.page.step, s.values, emailOk)
            case Forwarded(v) => s.(page := Apply(s.page, Submit(v)))
            case _ => s)
    case ClickConfirm(answer) =>
      if Shown(s).Some? && Shown(s).value.confirm == Enabled
      then s.(flags := HandleClick(ContentState(s.flags, true), s.values, _ => answer).state.flags)
      else s
    case ClickVerify(answer) =>
      if Shown(s).Some? && Shown(s).value.verify == Enabled
      then s.(flags := HandleOtpVerification(ContentState(s.flags, true), s.values, _ => answer).state.flags)
      else s
  }

  function Run(s: State, events: seq<Event>, emailOk: string -> bool): State
    decreases |events|
  {
    if events == [] then s else Run(Step(s, events[0], emailOk), events[1..], emailOk)
  }

  /** Every transition keeps the page invariant. */
  lemma StepKeepsInv(s: State, e: Event, emailOk: string -> bool)
    requires Inv(s.page)
    ensures Inv(Step(s, e, emailOk).page)
  {
    match e
    case ClickBack => InvPreserved(s.page, Back);
    case ClickNext =>
      var sub := SubmitForm(s.page.step, s.values, emailOk);
      if sub.Forwarded? {
        InvPreserved(s.page, Submit(sub.values));
      }
    case _ =>
  }

  /** No transition lowers a verification flag. */
  lemma StepRaisesFlags(s: State, e: Event, emailOk: string -> bool)
    ensures FlagsLe(s.flags, Step(s, e, emailOk).flags)
  {
  }

  lemma {:induction false} RunKeepsInv(s: State, events: seq<Event>, emailOk: string -> bool)
    requires Inv(s.page)
    ensures Inv(Run(s, events, emailOk).page)
    decreases |events|
  {
    if events != [] {
      StepKeepsInv(s, events[0], emailOk);
      RunKeepsInv(Step(s, events[0], emailOk), events[1..], emailOk);
    }
  }

  /** The flags are monotone: from any state, whatever the user does next,
      a flag that is true stays true. */
  lemma {:induction false} RunRaisesFlags(s: State, events: seq<Event>, emailOk: string -> bool)
    ensures FlagsLe(s.flags, Run(s, events, emailOk).flags)
    decreases |events|
  {
    if events != [] {
      StepRaisesFlags(s, events[0], emailOk);
      RunRaisesFlags(Step(s, events[0], emailOk), events[1..], emailOk);
    }
  }

  /** From the start, the step stays within [CompanyInfo, Payroll] and no
      payroll record exists without the other two. */
  lemma Reachable(events: seq<Event>, emailOk: string -> bool)
    ensures Inv(Run(Start, events, emailOk).page)
    ensures InRange(Run(Start, events, emailOk).page.step)
  {
    RunKeepsInv(Start, events, emailOk);
  }

  /** The Back and Next gates, by their effect: Back changes the state on
      every step but the first; Next does nothing on the user step until both
      verifications are done, and submits whenever the values pass on the
      company and payroll steps, or on the user step once verified. */
  lemma ButtonGates(s: State, emailOk: string -> bool)
    requires InRange(s.page.step)
    ensures Step(s, ClickBack, emailOk) == s <==> s.page.step == CompanyInfo
    ensures s.page.step == UserInfo && !BothVerified(s.flags) ==> Step(s, ClickNext, emailOk) == s
    ensures s.page.step != UserInfo && StepValid(s.page.step, s.values, emailOk) ==>
      Step(s, ClickNext, emailOk).page == HandleStepSubmit(s.page, s.values).page
    ensures s.page.step == UserInfo && BothVerified(s.flags) && UserValid(s.values, emailOk) ==>
      Step(s, ClickNext, emailOk).page == HandleStepSubmit(s.page, s.values).page
  {
  }

  /** The step moves from UserInfo to Payroll only when both the account and
      its code are verified. */
  lemma AdvanceNeedsVerification(s: State, e: Event, emailOk: string -> bool)
    requires s.page.step == UserInfo
    requires Step(s, e, emailOk).page.step == Payroll
    ensures BothVerified(s.flags)
    ensures e.ClickNext? && UserValid(s.values, emailOk)
  {
  }

  /** What holds while only rendered fields have been typed into: the user
      rule set's `first_name` has never been set, and the wizard has not
      passed the user step. */
  predicate NotPastUser(s: State) {
    Inv(s.page) && "first_name" !in s.values && s.page.step <= UserInfo
  }

  lemma StepKeepsNotPastUser(s: State, e: Event, emailOk: string -> bool)
    requires NotPastUser(s)
    ensures NotPastUser(Step(s, e, emailOk))
  {
    StepKeepsInv(s, e, emailOk);
    match e
    case Edit(name, v) =>
      if name in RenderedFields(s.page.step, s.flags, Get(s.values, "code")) {
        assert name != "first_name";
      }
    case _ =>
  }

  /** Since the user step renders `firstName` while its rule set requires
      `first_name`, no run of edits and button presses gets past the user
      step through a validated submission. */
  lemma {:induction false} NeverReachesPayroll(events: seq<Event>, emailOk: string -> bool)
    ensures Run(Start, events, emailOk).page.step != Payroll
  {
    NotPastUserRun(Start, events, emailOk);
  }

  lemma {:induction false} NotPastUserRun(s: State, events: seq<Event>, emailOk: string -> bool)
    requires NotPastUser(s)
    ensures NotPastUser(Run(s, events, emailOk))
    decreases |events|
  {
    if events != [] {
      StepKeepsNotPastUser(s, events[0], emailOk);
      NotPastUserRun(Step(s, events[0], emailOk), events[1..], emailOk);
    }
  }
}
