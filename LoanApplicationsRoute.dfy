/** `/api/loan-applications`: POST validates an application, stores it as
    SUBMITTED, writes one audit entry and fires off a confirmation e-mail
    whose fate does not affect the response; GET lists applications a page
    at a time, optionally of one status. */
module LoanApplicationsRoute {
  import opened Common
  import opened Db
  import opened Pagination

  /** The POST body. */
  datatype ApplicationRequest = ApplicationRequest(
    fullName: string,
    email: string,
    phone: string,
    address: string,
    employmentStatus: string,
    monthlyIncome: real,
    loanAmount: real,
    loanPurpose: string,
    documents: Option<seq<string>>)

  /** `LoanApplicationSchema`. */
  predicate ValidApplication(req: ApplicationRequest) {
    && |req.fullName| >= 1
    && ValidEmail(req.email)
    && |req.phone| >= 1
    && |req.address| >= 1
    && |req.employmentStatus| >= 1
    && req.monthlyIncome > 0.0
    && req.loanAmount > 0.0
    && |req.loanPurpose| >= 10
  }

  /** The row stored for a valid request, or None when validation fails. The
      document list is stored when present (an empty list is truthy and is
      stored too) and as null otherwise. */
  function NewApplication(req: ApplicationRequest, id: string): Option<LoanApplication> {
    if !ValidApplication(req) then None
    else Some(LoanApplication(id, req.fullName, req.email, req.phone, req.address,
                              req.employmentStatus, req.monthlyIncome, req.loanAmount,
                              req.loanPurpose, req.documents, Submitted))
  }

  /** POST /api/loan-applications as one sequential step. `id` is the id the
      store generates; `emailDelivered` is the fate of the confirmation
      e-mail, which is sent without being awaited. Returns the HTTP status. */
  method SubmitApplication(db: Store, req: ApplicationRequest, id: string, emailDelivered: bool)
    returns (status: int, created: Option<LoanApplication>)
    requires db.Valid() && id !in db.applications
    modifies db
    ensures db.Valid()
    ensures created == NewApplication(req, id)
    ensures status == (if created.Some? then 201 else 400)
    ensures created.Some? ==>
              && db.applications == old(db.applications)[id := created.value]
              && db.audit == old(db.audit) + [LoanApplicationSubmitted(id, req.fullName, req.loanAmount)]
    ensures created.None? ==> db.applications == old(db.applications) && db.audit == old(db.audit)
    ensures db.borrowers == old(db.borrowers) && db.loans == old(db.loans)
    ensures db.users == old(db.users) && db.resetTokens == old(db.resetTokens)
    ensures db.profiles == old(db.profiles)
  {
    if !ValidApplication(req) {
      return 400, None;
    }
    var application := LoanApplication(id, req.fullName, req.email, req.phone, req.address,
                                       req.employmentStatus, req.monthlyIncome, req.loanAmount,
                                       req.loanPurpose, req.documents, Submitted);
    db.applications := db.applications[id := application];
    db.audit := db.audit + [LoanApplicationSubmitted(application.id, application.fullName, application.loanAmount)];
    // The confirmation e-mail is fire-and-forget: its outcome is only logged.
    var _ := emailDelivered;
    return 201, Some(application);
  }

  /** A stored application starts SUBMITTED and holds exactly the validated
      applicant fields and documents. */
  lemma NewApplicationIsSubmitted(req: ApplicationRequest, id: string)
    requires ValidApplication(req)
    ensures var a := NewApplication(req, id);
            && a.Some? && a.value.status == Submitted && a.value.id == id
            && a.value.fullName == req.fullName && a.value.email == req.email
            && a.value.phone == req.phone && a.value.address == req.address
            && a.value.employmentStatus == req.employmentStatus
            && a.value.monthlyIncome == req.monthlyIncome && a.value.loanAmount == req.loanAmount
            && a.value.loanPurpose == req.loanPurpose
            && (a.value.documents.Some? <==> req.documents.Some?)
            && (req.documents.Some? ==> a.value.documents.value == req.documents.value)
  {
  }

  /** Each schema rule on its own is enough to refuse the application. */
  lemma InvalidApplicationRefused(req: ApplicationRequest, id: string)
    requires || req.fullName == "" || req.phone == "" || req.address == "" || req.employmentStatus == ""
             || req.monthlyIncome <= 0.0 || req.loanAmount <= 0.0 || |req.loanPurpose| < 10
             || !ValidEmail(req.email)
    ensures NewApplication(req, id).None?
  {
  }

  /** A well-formed application whose purpose has exactly ten characters is accepted. */
  lemma TenCharacterPurposeAccepted(id: string)
    ensures NewApplication(ApplicationRequest("Ann", "a@b.co", "555", "1 Road", "employed",
                                              100.0, 50.0, "0123456789", Some([])), id).Some?
  {
    var e := "a@b.co";
    assert BeforeFirst(e, '@') == "a" by {
      assert e[1..] == "@b.co";
    }
    assert e[2..] == "b.co";
    assert e[2..][1] == '.';
  }

  /** `where = status ? { status } : {}`; an unknown status name is refused by
      the store (None, a 500 response). */
  function ListApplications(ordered: seq<LoanApplication>, statusParam: Option<string>, page: int, limit: int)
    : Option<Listing<LoanApplication>>
  {
    if !Truthy(statusParam) then Some(List(ordered, page, limit))
    else match ParseApplicationStatus(statusParam.value)
      case None => None
      case Some(st) => Some(List(Filter(ordered, (a: LoanApplication) => a.status == st), page, limit))
  }

  /** With a status, only applications in that status are listed and counted;
      without one, every application is counted. */
  lemma {:induction false} ListedApplicationsMatch(ordered: seq<LoanApplication>, statusParam: Option<string>, page: int, limit: int)
    ensures var r := ListApplications(ordered, statusParam, page, limit);
            && (!Truthy(statusParam) ==> r.Some? && r.value.total == |ordered|)
            && (r.Some? && r.value.rows.Some? && Truthy(statusParam) ==>
                  forall i :: 0 <= i < |r.value.rows.value| ==>
                    ApplicationStatusName(r.value.rows.value[i].status) == statusParam.value)
  {
    if Truthy(statusParam) {
      var st := ParseApplicationStatus(statusParam.value);
      if st.Some? {
        var inStatus := (a: LoanApplication) => a.status == st.value;
        PageRowsKeep(Filter(ordered, inStatus), page, limit, inStatus);
      }
    }
  }
}
