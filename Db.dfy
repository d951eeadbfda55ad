/** The persistent store the route handlers read and write, held in memory:
    one map per table, keyed the way the handlers look rows up, plus the
    append-only audit log. Each handler is modelled as one atomic sequential
    step over this store. */
module Db {
  import opened Common
  import opened LoanUtils

  datatype Borrower = Borrower(
    id: string,
    name: string,
    email: Option<string>,
    phone: Option<string>,
    address: Option<string>,
    notes: Option<string>)

  datatype Role = Admin | Volunteer

  datatype User = User(
    id: string,
    name: Option<string>,
    email: string,
    password: string,
    role: Role,
    isBanned: bool)

  datatype ResetToken = ResetToken(email: string, token: string, expires: int)

  datatype BorrowerProfile = BorrowerProfile(
    email: string,
    fullName: string,
    phone: Option<string>,
    address: Option<string>,
    dateOfBirth: Option<int>)

  datatype ApplicationStatus =
    | Submitted
    | UnderReview
    | ConditionallyApproved
    | DocumentsSigned
    | Approved
    | Disbursed
    | Rejected

  /** The enum names the store uses for application statuses. */
  function ApplicationStatusName(st: ApplicationStatus): string {
    match st
    case Submitted => "SUBMITTED"
    case UnderReview => "UNDER_REVIEW"
    case ConditionallyApproved => "CONDITIONALLY_APPROVED"
    case DocumentsSigned => "DOCUMENTS_SIGNED"
    case Approved => "APPROVED"
    case Disbursed => "DISBURSED"
    case Rejected => "REJECTED"
  }

  /** The status a query value names, if any. */
  function ParseApplicationStatus(t: string): (r: Option<ApplicationStatus>)
    ensures r.Some? ==> ApplicationStatusName(r.value) == t
  {
    if t == "SUBMITTED" then Some(Submitted)
    else if t == "UNDER_REVIEW" then Some(UnderReview)
    else if t == "CONDITIONALLY_APPROVED" then Some(ConditionallyApproved)
    else if t == "DOCUMENTS_SIGNED" then Some(DocumentsSigned)
    else if t == "APPROVED" then Some(Approved)
    else if t == "DISBURSED" then Some(Disbursed)
    else if t == "REJECTED" then Some(Rejected)
    else None
  }

  /** Every status name parses back to its status, so names are distinct. */
  lemma ApplicationStatusNameRoundTrip(st: ApplicationStatus)
    ensures ParseApplicationStatus(ApplicationStatusName(st)) == Some(st)
  {
  }

  datatype LoanApplication = LoanApplication(
    id: string,
    fullName: string,
    email: string,
    phone: string,
    address: string,
    employmentStatus: string,
    monthlyIncome: real,
    loanAmount: real,
    loanPurpose: string,
    documents: Option<seq<string>>,
    status: ApplicationStatus)

  /** One audit row; the payload fields are those serialised by each writer. */
  datatype AuditEntry =
    | PaymentReceived(paymentId: string, loanId: string, amount: real)
    | LoanCreated(loanId: string, borrowerId: string, amount: real)
    | LoanApplicationSubmitted(applicationId: string, fullName: string, loanAmount: real)
    | CronOverdueNotifications(overdueLoansCount: nat, emailsSent: nat, errors: seq<string>)
  {
    function Action(): string {
      match this
      case PaymentReceived(_, _, _) => "PAYMENT_RECEIVED"
      case LoanCreated(_, _, _) => "LOAN_CREATED"
      case LoanApplicationSubmitted(_, _, _) => "LOAN_APPLICATION_SUBMITTED"
      case CronOverdueNotifications(_, _, _) => "CRON_OVERDUE_NOTIFICATIONS"
    }
  }

  class Store {
    var borrowers: map<string, Borrower>        // keyed by id
    var loans: map<string, Loan>                // keyed by id
    var applications: map<string, LoanApplication>  // keyed by id
    var users: map<string, User>                // keyed by e-mail (unique)
    var resetTokens: map<string, ResetToken>    // keyed by token (unique)
    var profiles: map<string, BorrowerProfile>  // keyed by e-mail (unique)
    var audit: seq<AuditEntry>

    /** Every row is stored under its own key. */
    ghost predicate Valid()
      reads this
    {
      && (forall id :: id in borrowers ==> borrowers[id].id == id)
      && (forall id :: id in loans ==> loans[id].id == id)
      && (forall id :: id in applications ==> applications[id].id == id)
      && (forall e :: e in users ==> users[e].email == e)
      && (forall t :: t in resetTokens ==> resetTokens[t].token == t)
      && (forall e :: e in profiles ==> profiles[e].email == e)
    }

    constructor ()
      ensures Valid()
      ensures borrowers == map[] && loans == map[] && applications == map[]
      ensures users == map[] && resetTokens == map[] && profiles == map[] && audit == []
    {
      borrowers, loans, applications := map[], map[], map[];
      users, resetTokens, profiles := map[], map[], map[];
      audit := [];
    }
  }
}
