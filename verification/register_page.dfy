/** The step wizard controller (RegisterPage.tsx): the current step and the
    record of per-step data accumulated so far, with the transitions the page
    performs on Back and on a step's submission. */
module RegisterPage {
  import opened Wrappers
  import opened Zod

  /** The values of `StepIndex`. The step is held as a plain number, as the
      page does arithmetic on it. */
  const CompanyInfo: int := 0
  const UserInfo: int := 1
  const Payroll: int := 2

  predicate InRange(step: int) {
    CompanyInfo <= step <= Payroll
  }

  /** `Partial<RegistrationFormData>`: each sub-record may be missing. Each
      holds whatever values the form forwarded for its step. */
  datatype RegistrationData = RegistrationData(
    companyInfo: Option<FormValues>,
    userInfo: Option<FormValues>,
    payrollInfo: Option<FormValues>)

  datatype Page = Page(step: int, data: RegistrationData)

  const EmptyData: RegistrationData := RegistrationData(None, None, None)

  /** The page as first rendered. */
  const Initial: Page := Page(CompanyInfo, EmptyData)

  const InvalidStepToast: string := "Invalid step."

  /** The sub-record that belongs to `step`. */
  function SubRecord(data: RegistrationData, step: int): Option<FormValues>
    requires InRange(step)
  {
    if step == CompanyInfo then data.companyInfo
    else if step == UserInfo then data.userInfo
    else data.payrollInfo
  }

  /** `goToNextStep`: one step forward, clamped at Payroll. */
  function GoToNextStep(step: int): (r: int)
    ensures InRange(step) ==> InRange(r)
    ensures step < Payroll ==> r == step + 1
    ensures step >= Payroll ==> r == Payroll
  {
    if step + 1 < Payroll then step + 1 else Payroll
  }

  /** `goToPreviousStep`: one step back, clamped at CompanyInfo. */
  function GoToPreviousStep(step: int): (r: int)
    ensures InRange(step) ==> InRange(r)
    ensures step == CompanyInfo ==> r == step
    ensures CompanyInfo < step ==> r == step - 1
  {
    if step - 1 > CompanyInfo then step - 1 else CompanyInfo
  }

  /** Back undoes Next below the last step, and Next undoes Back above the
      first one; at the ends each move is a no-op. */
  lemma NextBackInverse(step: int)
    requires InRange(step)
    ensures step < Payroll ==> GoToPreviousStep(GoToNextStep(step)) == step
    ensures step > CompanyInfo ==> GoToNextStep(GoToPreviousStep(step)) == step
    ensures GoToNextStep(Payroll) == Payroll && GoToPreviousStep(CompanyInfo) == CompanyInfo
  {
  }

  /** The result of `handleStepSubmit`: the next page state and the error
      toast shown, if any. */
  datatype Submitted = Submitted(page: Page, toast: Option<string>)

  /** The guard of the Payroll case: both earlier sub-records present. */
  predicate PayrollGuard(data: RegistrationData) {
    data.companyInfo.Some? && data.userInfo.Some?
  }

  /** Whether a submission at this page is merged (as opposed to dropped). */
  predicate Accepted(p: Page) {
    p.step == CompanyInfo || p.step == UserInfo || (p.step == Payroll && PayrollGuard(p.data))
  }

  /** `handleStepSubmit(stepData)`. */
  function HandleStepSubmit(p: Page, stepData: FormValues): (r: Submitted)
    // an accepted submission stores the data as the step's own sub-record,
    // keeps the other two, and advances with the clamp
    ensures Accepted(p) ==>
      && SubRecord(r.page.data, p.step) == Some(stepData)
      && (forall k :: InRange(k) && k != p.step ==> SubRecord(r.page.data, k) == SubRecord(p.data, k))
      && r.page.step == GoToNextStep(p.step)
      && r.toast == None
    // the payroll submission without both earlier records is dropped silently
    ensures p.step == Payroll && !PayrollGuard(p.data) ==> r == Submitted(p, None)
    // any other step value changes nothing and reports "Invalid step."
    ensures !InRange(p.step) ==> r == Submitted(p, Some(InvalidStepToast))
  {
    if p.step == CompanyInfo then
      Submitted(Page(GoToNextStep(p.step), p.data.(companyInfo := Some(stepData))), None)
    else if p.step == UserInfo then
      Submitted(Page(GoToNextStep(p.step), p.data.(userInfo := Some(stepData))), None)
    else if p.step == Payroll then
      if PayrollGuard(p.data) then
        Submitted(Page(GoToNextStep(p.step), p.data.(payrollInfo := Some(stepData))), None)
      else
        Submitted(p, None)
    else
      Submitted(p, Some(InvalidStepToast))
  }

  /** What the page reacts to: the Back callback and the submit callback. */
  datatype PageEvent = Back | Submit(stepData: FormValues)

  function Apply(p: Page, e: PageEvent): Page {
    match e
    case Back => p.(step := GoToPreviousStep(p.step))
    case Submit(d) => HandleStepSubmit(p, d).page
  }

  function Run(p: Page, events: seq<PageEvent>): Page
    decreases |events|
  {
    if events == [] then p else Run(Apply(p, events[0]), events[1..])
  }

  /** What holds of every page state the wizard can reach: the step is in
      range, each step beyond the first has the earlier steps' records, and a
      payroll record never exists without the other two. */
  predicate Inv(p: Page) {
    && InRange(p.step)
    && (p.step >= UserInfo ==> p.data.companyInfo.Some?)
    && (p.step == Payroll ==> p.data.userInfo.Some?)
    && (p.data.payrollInfo.Some? ==> PayrollGuard(p.data))
  }

  lemma InvPreserved(p: Page, e: PageEvent)
    requires Inv(p)
    ensures Inv(Apply(p, e))
  {
  }

  lemma {:induction false} RunPreservesInv(p: Page, events: seq<PageEvent>)
    requires Inv(p)
    ensures Inv(Run(p, events))
    decreases |events|
  {
    if events != [] {
      InvPreserved(p, events[0]);
      RunPreservesInv(Apply(p, events[0]), events[1..]);
    }
  }

  /** From the initial page, every sequence of Back and submit events keeps
      the invariant; in particular the step stays within
      [CompanyInfo, Payroll]. */
  lemma Reachable(events: seq<PageEvent>)
    ensures Inv(Run(Initial, events))
    ensures InRange(Run(Initial, events).step)
  {
    RunPreservesInv(Initial, events);
  }

  /** Consequence: in every reachable state the Payroll guard holds, so a
      payroll submission is never dropped, and it stays on Payroll. */
  lemma PayrollSubmitNeverDropped(events: seq<PageEvent>, stepData: FormValues)
    requires Run(Initial, events).step == Payroll
    ensures HandleStepSubmit(Run(Initial, events), stepData).page.data.payrollInfo == Some(stepData)
    ensures HandleStepSubmit(Run(Initial, events), stepData).page.step == Payroll
  {
    Reachable(events);
  }

  /** Submitting a step a second time replaces that step's record with the
      new data and keeps the other records. */
  lemma ResubmitReplaces(p: Page, first: FormValues, second: FormValues)
    requires Inv(p) && p.step < Payroll
    ensures
      var q := HandleStepSubmit(p, first).page;
      var back := Apply(q, Back);
      var again := HandleStepSubmit(back, second).page;
      && back.step == p.step
      && SubRecord(again.data, p.step) == Some(second)
      && (forall k :: InRange(k) && k != p.step ==> SubRecord(again.data, k) == SubRecord(q.data, k))
  {
    var q := HandleStepSubmit(p, first).page;
    var back := Apply(q, Back);
    assert back.step == p.step;
    assert Accepted(back);
  }
}
