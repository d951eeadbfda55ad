/** The borrower's three-step loan application form: the step counter, the
    Continue / Back buttons, the file list, and the final submission to
    `/api/loan-applications`. The server's answer and `parseFloat` are
    parameters. */
module ApplyPage {
  import opened Common
  import opened LoanApplicationsRoute

  const LastStep: int := 3

  /** What pressing the submit button does at a given step: move on one step,
      or (at the last step) send the application and stay. */
  datatype Press = Advance(next: int) | Send

  function PressAt(step: int): (p: Press)
    ensures p.Advance? <==> step < LastStep
    ensures p.Advance? ==> p.next == step + 1
  {
    if step < LastStep then Advance(step + 1) else Send
  }

  /** Presses keep the step within 1..3. */
  lemma PressKeepsStepInRange(step: int)
    requires 1 <= step <= LastStep
    ensures PressAt(step).Advance? ==> 1 <= PressAt(step).next <= LastStep
  {
  }

  /** The step reached after `k` presses from `step`, none of which sends. */
  function StepAfter(step: int, k: nat): int
    decreases k
  {
    if k == 0 then step
    else match PressAt(step)
      case Advance(n) => StepAfter(n, k - 1)
      case Send => step
  }

  /** From step 1 the first two presses only advance, and the third sends. */
  lemma {:induction false} SendOnlyOnThirdPress()
    ensures PressAt(StepAfter(1, 0)).Advance? && PressAt(StepAfter(1, 1)).Advance?
    ensures StepAfter(1, 2) == LastStep && PressAt(StepAfter(1, 2)) == Send
  {
    assert StepAfter(1, 1) == StepAfter(2, 0) == 2;
    assert StepAfter(1, 2) == StepAfter(2, 1) == StepAfter(3, 0) == 3;
  }

  /** The fate of the POST: accepted, refused with the body's `error` text
      (if any), or a thrown error with its message. */
  datatype ServerAnswer = Accepted | Refused(errorText: Option<string>) | Thrown(message: string)

  /** The message shown when the submission fails. */
  function FailureMessage(a: ServerAnswer): Option<string> {
    match a
    case Accepted => None
    case Refused(t) => Some(if Truthy(t) then t.value else "Failed to submit application")
    case Thrown(m) => Some(m)
  }

  datatype FormText = FormText(
    fullName: string,
    email: string,
    phone: string,
    address: string,
    employmentStatus: string,
    monthlyIncome: string,
    loanAmount: string,
    loanPurpose: string)

  class ApplyWizard {
    var step: int
    var isSubmitting: bool
    var error: Option<string>
    var fullName: string
    var email: string
    var phone: string
    var address: string
    var employmentStatus: string
    var monthlyIncome: string
    var loanAmount: string
    var loanPurpose: string
    var documents: seq<string>   // names of the chosen files
    var redirected: bool         // `router.push('/borrower/dashboard')` happened

    predicate Valid()
      reads this
    {
      1 <= step <= LastStep
    }

    /** The eight text inputs of the form, as typed. */
    function Typed(): FormText
      reads this
    {
      FormText(fullName, email, phone, address, employmentStatus, monthlyIncome, loanAmount, loanPurpose)
    }

    constructor ()
      ensures Valid()
      ensures step == 1 && !isSubmitting && error.None? && documents == [] && !redirected
      ensures fullName == "" && email == "" && phone == "" && address == ""
      ensures employmentStatus == "" && monthlyIncome == "" && loanAmount == "" && loanPurpose == ""
    {
      step, isSubmitting, error := 1, false, None;
      fullName, email, phone, address := "", "", "", "";
      employmentStatus, monthlyIncome, loanAmount, loanPurpose := "", "", "", "";
      documents, redirected := [], false;
    }

    /** The body posted from the current form. */
    function Request(parseNumber: string -> real): (req: ApplicationRequest)
      reads this
      ensures req.documents == Some(documents)
      ensures req.fullName == fullName && req.email == email && req.loanPurpose == loanPurpose
      ensures req.phone == phone && req.address == address && req.employmentStatus == employmentStatus
      // the two amounts are the typed texts passed through `parseFloat`
      ensures req.monthlyIncome == parseNumber(monthlyIncome) && req.loanAmount == parseNumber(loanAmount)
    {
      ApplicationRequest(fullName, email, phone, address, employmentStatus,
                         parseNumber(monthlyIncome), parseNumber(loanAmount), loanPurpose, Some(documents))
    }

    /** `handleFileUpload`: any file choice, even an empty one, replaces the
        list with the files' names, in order; no `files` object leaves it. */
    method ChooseFiles(names: Option<seq<string>>)
      modifies this
      ensures documents == (if names.Some? then names.value else old(documents))
      ensures step == old(step) && isSubmitting == old(isSubmitting) && error == old(error)
      ensures redirected == old(redirected) && Typed() == old(Typed())
    {
      if names.Some? {
        documents := names.value;
      }
    }

    /** `handleSubmit`: clears the error, then advances below the last step,
        or at the last step posts the form (returned as `sent`) and, on
        success, redirects; on failure shows the message. */
    method HandleSubmit(parseNumber: string -> real, answer: ServerAnswer) returns (sent: Option<ApplicationRequest>)
      requires Valid()
      modifies this
      ensures Valid()
      ensures sent.Some? <==> PressAt(old(step)) == Send
      ensures PressAt(old(step)).Advance? ==>
                && step == PressAt(old(step)).next && error.None?
                && redirected == old(redirected) && isSubmitting == old(isSubmitting)
      ensures sent.Some? ==>
                && sent.value == old(Request(parseNumber))
                && step == old(step) && !isSubmitting
                && error == FailureMessage(answer)
                && redirected == (answer.Accepted? || old(redirected))
      ensures documents == old(documents) && Typed() == old(Typed())
    {
      error := None;
      match PressAt(step)
      case Advance(n) =>
        step := n;
        sent := None;
      case Send =>
        isSubmitting := true;
        sent := Some(Request(parseNumber));
        error := FailureMessage(answer);
        if answer.Accepted? {
          redirected := true;
        }
        isSubmitting := false;
    }

    /** Back is rendered only above step 1 and disabled while submitting. */
    predicate BackAvailable()
      reads this
    {
      step > 1 && !isSubmitting
    }

    method Back()
      requires Valid()
      modifies this
      ensures Valid()
      ensures old(BackAvailable()) ==> step == old(step) - 1
      ensures !old(BackAvailable()) ==> step == old(step)
      ensures isSubmitting == old(isSubmitting) && error == old(error) && documents == old(documents)
      ensures redirected == old(redirected) && Typed() == old(Typed())
    {
      if BackAvailable() {
        step := step - 1;
      }
    }
  }
}
