/** The admin review screen for loan applications: which review actions each
    status offers, the pending counter, the status filter sent to the list
    endpoint, and the dialog form state with its send-button guards. The
    server-side transitions the actions trigger are not part of this model. */
module LoanRequestsPage {
  import opened Common
  import opened Db
  import opened Pagination
  import LoanApplicationsRoute

  datatype ReviewAction = StartReview | ConditionalApprove | Reject | FinalApprove | Disburse

  function ActionName(a: ReviewAction): string {
    match a
    case StartReview => "start_review"
    case ConditionalApprove => "conditional_approve"
    case Reject => "reject"
    case FinalApprove => "final_approve"
    case Disburse => "disburse"
  }

  /** `getAvailableActions`: the buttons shown for an application, in order. */
  function AvailableActions(st: ApplicationStatus): seq<ReviewAction> {
    match st
    case Submitted => [StartReview, Reject]
    case UnderReview => [ConditionalApprove, Reject]
    case DocumentsSigned => [FinalApprove, Reject]
    case Approved => [Disburse]
    case _ => []
  }

  /** The statuses still awaiting a reviewer's decision. */
  predicate IsPending(st: ApplicationStatus) {
    st == Submitted || st == UnderReview || st == DocumentsSigned
  }

  /** Reject is offered exactly for the pending statuses, and then as the
      second of two actions. */
  lemma RejectOfferedIffPending(st: ApplicationStatus)
    ensures Reject in AvailableActions(st) <==> IsPending(st)
    ensures IsPending(st) ==> |AvailableActions(st)| == 2 && AvailableActions(st)[1] == Reject
  {
  }

  /** Conditionally approved, disbursed and rejected applications offer no
      action at all; every other status offers at least one. */
  lemma NoActionsIffWaitingOrClosed(st: ApplicationStatus)
    ensures AvailableActions(st) == [] <==> st == ConditionallyApproved || st == Disbursed || st == Rejected
  {
  }

  /** Each forward action is offered from exactly one status. */
  lemma ForwardActionHasOneSource(st: ApplicationStatus, a: ReviewAction)
    requires a != Reject && a in AvailableActions(st)
    ensures st == (match a
                   case StartReview => Submitted
                   case ConditionalApprove => UnderReview
                   case FinalApprove => DocumentsSigned
                   case _ => Approved)
  {
  }

  predicate PendingApp(a: LoanApplication) { IsPending(a.status) }
  predicate SettledApp(a: LoanApplication) { !IsPending(a.status) }

  /** `pendingCount`. */
  function PendingCount(apps: seq<LoanApplication>): nat {
    |Filter(apps, PendingApp)|
  }

  /** The pending applications and the others make up the whole list, and
      the count is additive over concatenation. */
  lemma PendingCountSplits(apps: seq<LoanApplication>, more: seq<LoanApplication>)
    ensures PendingCount(apps) + |Filter(apps, SettledApp)| == |apps|
    ensures PendingCount(apps + more) == PendingCount(apps) + PendingCount(more)
  {
    FilterSplitsLength(apps, PendingApp, SettledApp);
    FilterAppend(apps, more, PendingApp);
  }

  // ---------------------------------------------------------------------------
  // Status filter

  datatype StatusChoice = All | Only(status: ApplicationStatus)

  /** The query string the page appends to the list endpoint's URL. */
  function StatusQuery(f: StatusChoice): string {
    match f
    case All => ""
    case Only(st) => "?status=" + ApplicationStatusName(st)
  }

  /** The `status` parameter the list endpoint reads from a query string. */
  function QueryStatusParam(q: string): Option<string> {
    if StartsWith(q, "?status=") then Some(q[8..]) else None
  }

  /** "ALL" sends no status at all; any other choice sends its own name,
      which the endpoint parses back to the chosen status. */
  lemma StatusQueryRoundTrip(f: StatusChoice)
    ensures f.All? ==> QueryStatusParam(StatusQuery(f)) == None
    ensures f.Only? ==> QueryStatusParam(StatusQuery(f)) == Some(ApplicationStatusName(f.status))
                        && ParseApplicationStatus(ApplicationStatusName(f.status)) == Some(f.status)
  {
    if f.Only? {
      var q := StatusQuery(f);
      assert q[..8] == "?status=";
      assert q[8..] == ApplicationStatusName(f.status);
      ApplicationStatusNameRoundTrip(f.status);
    }
  }

  /** Choosing one status shows only applications in that status. */
  lemma ChosenStatusOnlyListed(ordered: seq<LoanApplication>, st: ApplicationStatus, page: int, limit: int)
    ensures var r := LoanApplicationsRoute.ListApplications(ordered, QueryStatusParam(StatusQuery(Only(st))), page, limit);
            r.Some? && (r.value.rows.Some? ==>
              forall i :: 0 <= i < |r.value.rows.value| ==> r.value.rows.value[i].status == st)
  {
    StatusQueryRoundTrip(Only(st));
    var param := QueryStatusParam(StatusQuery(Only(st)));
    assert Truthy(param) by {
      assert |ApplicationStatusName(st)| > 0;
    }
    LoanApplicationsRoute.ListedApplicationsMatch(ordered, param, page, limit);
    var r := LoanApplicationsRoute.ListApplications(ordered, param, page, limit);
    if r.value.rows.Some? {
      forall i | 0 <= i < |r.value.rows.value|
        ensures r.value.rows.value[i].status == st
      {
        ApplicationStatusNameRoundTrip(r.value.rows.value[i].status);
      }
    }
  }

  // ---------------------------------------------------------------------------
  // Dialog forms

  /** `requiredDocs.filter((_, i) => i !== idx)`. */
  function WithoutIndex<T>(s: seq<T>, idx: int): seq<T>
    decreases |s|
  {
    if s == [] then []
    else if idx == 0 then WithoutIndex(s[1..], idx - 1)
    else [s[0]] + WithoutIndex(s[1..], idx - 1)
  }

  /** Removing by index deletes exactly that element and keeps the others in
      order; an index outside the list removes nothing. */
  lemma WithoutIndexRemovesOne<T>(s: seq<T>, idx: int)
    ensures 0 <= idx < |s| ==> WithoutIndex(s, idx) == s[..idx] + s[idx + 1..]
    ensures !(0 <= idx < |s|) ==> WithoutIndex(s, idx) == s
  {
    if 0 <= idx < |s| {
      WithoutIndexInRange(s, idx);
    } else {
      WithoutIndexOutOfRange(s, idx);
    }
  }

  lemma {:induction false} WithoutIndexInRange<T>(s: seq<T>, idx: int)
    requires 0 <= idx < |s|
    ensures WithoutIndex(s, idx) == s[..idx] + s[idx + 1..]
    decreases |s|
  {
    if idx == 0 {
      WithoutIndexOutOfRange(s[1..], -1);
    } else {
      WithoutIndexInRange(s[1..], idx - 1);
      calc {
        WithoutIndex(s, idx);
        [s[0]] + WithoutIndex(s[1..], idx - 1);
        [s[0]] + (s[1..][..idx - 1] + s[1..][idx..]);
        { assert [s[0]] + s[1..][..idx - 1] == s[..idx]; assert s[1..][idx..] == s[idx + 1..]; }
        s[..idx] + s[idx + 1..];
      }
    }
  }

  lemma {:induction false} WithoutIndexOutOfRange<T>(s: seq<T>, idx: int)
    requires !(0 <= idx < |s|)
    ensures WithoutIndex(s, idx) == s
    decreases |s|
  {
    if s != [] {
      WithoutIndexOutOfRange(s[1..], idx - 1);
      assert [s[0]] + s[1..] == s;
    }
  }

  const DefaultRequiredDocs: seq<string> := ["Proof of Income", "Government ID"]
  const DefaultDisbursementMethod: string := "bank_transfer"

  /** Whether the send button of an action's dialog is enabled. */
  predicate SendEnabled(action: ReviewAction, isProcessing: bool, conditionalNotes: string,
                        requiredDocs: seq<string>, reviewNotes: string, disbursementAmount: string)
  {
    && !isProcessing
    && match action
       case ConditionalApprove => conditionalNotes != "" && |requiredDocs| != 0
       case Reject => reviewNotes != ""
       case Disburse => disbursementAmount != ""
       case _ => true
  }

  /** A send button is enabled only when nothing is in flight and the fields
      its action needs are filled in. */
  lemma SendGuards(action: ReviewAction, isProcessing: bool, conditionalNotes: string,
                   requiredDocs: seq<string>, reviewNotes: string, disbursementAmount: string)
    ensures isProcessing ==> !SendEnabled(action, isProcessing, conditionalNotes, requiredDocs, reviewNotes, disbursementAmount)
    ensures (action == ConditionalApprove && SendEnabled(action, isProcessing, conditionalNotes, requiredDocs, reviewNotes, disbursementAmount))
              ==> conditionalNotes != "" && |requiredDocs| >= 1
    ensures (action == Reject && SendEnabled(action, isProcessing, conditionalNotes, requiredDocs, reviewNotes, disbursementAmount))
              ==> reviewNotes != ""
    ensures (action == Disburse && SendEnabled(action, isProcessing, conditionalNotes, requiredDocs, reviewNotes, disbursementAmount))
              ==> disbursementAmount != ""
    ensures (!isProcessing && (action == StartReview || action == FinalApprove))
              ==> SendEnabled(action, isProcessing, conditionalNotes, requiredDocs, reviewNotes, disbursementAmount)
  {
  }

  /** The review dialog's component state. */
  class ReviewForms {
    var reviewNotes: string
    var conditionalNotes: string
    var requiredDocs: seq<string>
    var newDoc: string
    var disbursementAmount: string
    var disbursementMethod: string
    var disbursementReference: string
    var isProcessing: bool
    var selected: Option<(LoanApplication, ReviewAction)>

    /** The fields `resetForms` restores hold their defaults. */
    predicate AtDefaults()
      reads this
    {
      && reviewNotes == "" && conditionalNotes == ""
      && requiredDocs == DefaultRequiredDocs && newDoc == ""
      && disbursementAmount == "" && disbursementMethod == DefaultDisbursementMethod
      && disbursementReference == ""
    }

    predicate CanSend(action: ReviewAction)
      reads this
    {
      SendEnabled(action, isProcessing, conditionalNotes, requiredDocs, reviewNotes, disbursementAmount)
    }

    constructor ()
      ensures AtDefaults() && !isProcessing && selected == None
    {
      reviewNotes, conditionalNotes := "", "";
      requiredDocs, newDoc := DefaultRequiredDocs, "";
      disbursementAmount, disbursementMethod, disbursementReference := "", DefaultDisbursementMethod, "";
      isProcessing, selected := false, None;
    }

    /** `resetForms`. */
    method ResetForms()
      modifies this
      ensures AtDefaults()
      ensures isProcessing == old(isProcessing) && selected == old(selected)
    {
      reviewNotes := "";
      conditionalNotes := "";
      requiredDocs := DefaultRequiredDocs;
      newDoc := "";
      disbursementAmount := "";
      disbursementMethod := DefaultDisbursementMethod;
      disbursementReference := "";
    }

    /** The Add button: appends the trimmed new document name, if any. */
    method AddDoc()
      modifies this
      ensures Trim(old(newDoc)) != "" ==> requiredDocs == old(requiredDocs) + [Trim(old(newDoc))] && newDoc == ""
      ensures Trim(old(newDoc)) == "" ==> requiredDocs == old(requiredDocs) && newDoc == old(newDoc)
      ensures reviewNotes == old(reviewNotes) && conditionalNotes == old(conditionalNotes)
      ensures disbursementAmount == old(disbursementAmount) && disbursementMethod == old(disbursementMethod)
      ensures disbursementReference == old(disbursementReference)
      ensures isProcessing == old(isProcessing) && selected == old(selected)
    {
      if Trim(newDoc) != "" {
        requiredDocs := requiredDocs + [Trim(newDoc)];
        newDoc := "";
      }
    }

    /** The Remove button of the document at `idx`. */
    method RemoveDoc(idx: int)
      modifies this
      ensures requiredDocs == WithoutIndex(old(requiredDocs), idx)
      ensures 0 <= idx < |old(requiredDocs)| ==>
                requiredDocs == old(requiredDocs)[..idx] + old(requiredDocs)[idx + 1..]
      ensures newDoc == old(newDoc)
      ensures reviewNotes == old(reviewNotes) && conditionalNotes == old(conditionalNotes)
      ensures disbursementAmount == old(disbursementAmount) && disbursementMethod == old(disbursementMethod)
      ensures disbursementReference == old(disbursementReference)
      ensures isProcessing == old(isProcessing) && selected == old(selected)
    {
      WithoutIndexRemovesOne(requiredDocs, idx);
      requiredDocs := WithoutIndex(requiredDocs, idx);
    }

    /** Clicking an action button: select the application, reset the forms,
        and for a disbursement pre-fill the amount with the requested one
        (`amountText` is `loanAmount.toString()`). */
    method OpenAction(app: LoanApplication, action: ReviewAction, amountText: string)
      modifies this
      ensures selected == Some((app, action))
      ensures action != Disburse ==> AtDefaults()
      ensures action == Disburse ==>
                disbursementAmount == amountText && requiredDocs == DefaultRequiredDocs
                && reviewNotes == "" && conditionalNotes == "" && newDoc == ""
                && disbursementMethod == DefaultDisbursementMethod && disbursementReference == ""
      ensures isProcessing == old(isProcessing)
      // a freshly opened reject or conditional-approval dialog cannot be sent yet
      ensures action == Reject || action == ConditionalApprove ==> !CanSend(action)
      ensures action == Disburse && amountText != "" && !isProcessing ==> CanSend(action)
    {
      selected := Some((app, action));
      ResetForms();
      if action == Disburse {
        disbursementAmount := amountText;
      }
    }
  }
}
